/**
 * Physical memory, the table tree it holds, and what one walk down that tree reads.
 */
module PageTables {
  import opened Sequences
  import opened Words

  function ZeroPage(): Page { seq(512, _ => ZERO) }

  /** A 4096-byte frame as 512 words. */
  type Page = p: seq<Word> | |p| == 512 witness seq(512, _ => ZERO)

  /** All of physical memory: every frame number denotes a page. */
  type Memory = m: imap<Frame, Page> | forall f: Frame :: f in m
    ghost witness imap f: Frame | true :: seq(512, _ => ZERO)

  /** Memory together with the chain of free frames, in the order they are handed out. */
  datatype Vm = Vm(mem: Memory, free: seq<Frame>)

  /** Table indices from the root downwards. */
  datatype Path = End | Step(idx: Index, rest: Path) {
    function Len(): nat {
      match this case End => 0 case Step(_, r) => 1 + r.Len()
    }
  }

  /** Table levels: 4 is the root (PML4), 1 the page table whose entries are leaves. */
  type Level = n: int | 1 <= n <= 4 witness 4

  /** The slots of the top-level table (level 4) a statement is about; below it, all of them. */
  predicate Live(n: Level, i: Index, top: set<Index>) { n == 4 ==> i in top }

  /** p has one index for each level from n down to 1 and starts in a live slot. */
  predicate Under(p: Path, n: Level, top: set<Index>)
    decreases n
  {
    p.Step? && Live(n, p.idx, top) && if n == 1 then p.rest.End? else Under(p.rest, n - 1, top)
  }

  predicate IsLink(w: Word) { w.present && w.writable && w.user }

  /** Slot i of table t links to a lower table. */
  predicate Kid(m: Memory, t: Frame, n: Level, i: Index, top: set<Index>) {
    n > 1 && Live(n, i, top) && m[t][i] != ZERO
  }

  function Sub(m: Memory, t: Frame, i: Index): Frame { m[t][i].frame }

  ghost predicate Reaches(m: Memory, f: Frame, t: Frame, n: Level, top: set<Index>)
    decreases n
  {
    f == t || exists i: Index :: Kid(m, t, n, i, top) && Reaches(m, f, Sub(m, t, i), n - 1, top)
  }

  /** The tables of the level-n tree at t. */
  ghost function Reach(m: Memory, t: Frame, n: Level, top: set<Index>): iset<Frame> {
    iset f: Frame | Reaches(m, f, t, n, top)
  }

  /** The tables below t form a tree: no table is reachable in two ways. */
  ghost predicate Tree(m: Memory, t: Frame, n: Level, top: set<Index>)
    decreases n
  {
    && (forall i: Index | Kid(m, t, n, i, top) ::
          IsLink(m[t][i]) && t !in Reach(m, Sub(m, t, i), n - 1, top) && Tree(m, Sub(m, t, i), n - 1, top))
    && (forall i: Index, j: Index | i != j && Kid(m, t, n, i, top) && Kid(m, t, n, j, top) ::
          Reach(m, Sub(m, t, i), n - 1, top) !! Reach(m, Sub(m, t, j), n - 1, top))
  }

  /** The word that a walk along p ends at; ZERO when a table is missing on the way. */
  function Entry(m: Memory, t: Frame, p: Path): Word
    decreases p
  {
    match p
    case End => ZERO
    case Step(i, End) => m[t][i]
    case Step(i, rest) => if m[t][i] == ZERO then ZERO else Entry(m, m[t][i].frame, rest)
  }

  function Store(m: Memory, t: Frame, i: Index, w: Word): Memory { m[t := m[t][i := w]] }

  function Clear(m: Memory, t: Frame): Memory { m[t := ZeroPage()] }

  ghost function Frames(s: seq<Frame>): iset<Frame> { iset f | f in s }

  ghost predicate Agree(m: Memory, m': Memory, s: iset<Frame>) { forall f | f in s :: m[f] == m'[f] }

  /** Memory is the same but for the given frames. */
  ghost predicate Changed(m: Memory, m': Memory, frames: iset<Frame>) { forall f | f !in frames :: m'[f] == m[f] }

  lemma ChangedAt(m: Memory, m': Memory, frames: iset<Frame>, f: Frame)
    requires Changed(m, m', frames) && f !in frames
    ensures m'[f] == m[f]
  {
  }

  lemma ChangedAgree(m: Memory, m': Memory, frames: iset<Frame>, s: iset<Frame>)
    requires Changed(m, m', frames) && s !! frames
    ensures Agree(m, m', s)
  {
  }

  lemma ChangedTwice(m: Memory, m1: Memory, m2: Memory, a: iset<Frame>, b: iset<Frame>, c: iset<Frame>)
    requires Changed(m, m1, a) && Changed(m1, m2, b) && a <= c && b <= c
    ensures Changed(m, m2, c)
  {
  }

  /** A link leads into the tree. */
  lemma SubReach(m: Memory, t: Frame, n: Level, i: Index, top: set<Index>)
    requires Kid(m, t, n, i, top)
    ensures Reach(m, Sub(m, t, i), n - 1, top) <= Reach(m, t, n, top)
  {
  }

  /** A tree depends on its own tables only. */
  lemma {:induction false} AgreeReach(m: Memory, m': Memory, t: Frame, n: Level, top: set<Index>)
    requires Agree(m, m', Reach(m, t, n, top))
    ensures Reach(m', t, n, top) == Reach(m, t, n, top)
    ensures Tree(m, t, n, top) ==> Tree(m', t, n, top)
    decreases n
  {
    assert t in Reach(m, t, n, top);
    forall i: Index | Kid(m, t, n, i, top)
      ensures Kid(m', t, n, i, top) && Sub(m', t, i) == Sub(m, t, i)
      ensures Reach(m', Sub(m, t, i), n - 1, top) == Reach(m, Sub(m, t, i), n - 1, top)
      ensures Tree(m, Sub(m, t, i), n - 1, top) ==> Tree(m', Sub(m, t, i), n - 1, top)
    {
      SubReach(m, t, n, i, top);
      AgreeReach(m, m', Sub(m, t, i), n - 1, top);
    }
    assert forall i: Index :: Kid(m', t, n, i, top) == Kid(m, t, n, i, top);
    forall f: Frame ensures f in Reach(m', t, n, top) <==> f in Reach(m, t, n, top) {
      assert forall i: Index | Kid(m, t, n, i, top) ::
        f in Reach(m', Sub(m, t, i), n - 1, top) <==> f in Reach(m, Sub(m, t, i), n - 1, top);
    }
  }

  lemma {:induction false} AgreeEntry(m: Memory, m': Memory, t: Frame, p: Path, n: Level, top: set<Index>)
    requires Under(p, n, top)
    requires Agree(m, m', Reach(m, t, n, top))
    ensures Entry(m', t, p) == Entry(m, t, p)
    decreases p
  {
    assert t in Reach(m, t, n, top);
    if p.rest.Step? && m[t][p.idx] != ZERO {
      SubReach(m, t, n, p.idx, top);
      AgreeEntry(m, m', Sub(m, t, p.idx), p.rest, n - 1, top);
    }
  }

  /** What hangs below slot i. */
  ghost function Below(m: Memory, t: Frame, n: Level, i: Index, top: set<Index>): iset<Frame> {
    if Kid(m, t, n, i, top) then Reach(m, Sub(m, t, i), n - 1, top) else iset{}
  }

  /** A tree is its root and what hangs below each slot. */
  lemma ReachBelow(m: Memory, t: Frame, n: Level, top: set<Index>, f: Frame)
    ensures f in Reach(m, t, n, top) <==> f == t || exists i: Index :: f in Below(m, t, n, i, top)
  {
    if f in Reach(m, t, n, top) && f != t {
      var i: Index :| Kid(m, t, n, i, top) && Reaches(m, f, Sub(m, t, i), n - 1, top);
      assert f in Below(m, t, n, i, top);
    }
    forall i: Index | f in Below(m, t, n, i, top) ensures f in Reach(m, t, n, top) {
      SubReach(m, t, n, i, top);
    }
  }

  /** Below the root, the choice of live slots does not matter. */
  lemma {:induction false} TopIrrelevant(m: Memory, t: Frame, n: Level, top: set<Index>, top': set<Index>)
    requires n < 4
    ensures Reach(m, t, n, top) == Reach(m, t, n, top') && Tree(m, t, n, top) == Tree(m, t, n, top')
    decreases n
  {
    forall i: Index | Kid(m, t, n, i, top)
      ensures Reach(m, Sub(m, t, i), n - 1, top) == Reach(m, Sub(m, t, i), n - 1, top')
      ensures Tree(m, Sub(m, t, i), n - 1, top) == Tree(m, Sub(m, t, i), n - 1, top')
    {
      TopIrrelevant(m, Sub(m, t, i), n - 1, top, top');
    }
    assert forall i: Index :: Kid(m, t, n, i, top) == Kid(m, t, n, i, top');
    forall f: Frame ensures f in Reach(m, t, n, top) <==> f in Reach(m, t, n, top') {
      assert forall i: Index | Kid(m, t, n, i, top) ::
        f in Reach(m, Sub(m, t, i), n - 1, top) <==> f in Reach(m, Sub(m, t, i), n - 1, top');
    }
  }

  /** Whether an unused slot is live does not matter. */
  lemma UnusedSlot(m: Memory, t: Frame, n: Level, i: Index, top: set<Index>, top': set<Index>)
    requires m[t][i] == ZERO && forall j: Index | j != i :: Live(n, j, top) == Live(n, j, top')
    ensures Reach(m, t, n, top') == Reach(m, t, n, top) && Tree(m, t, n, top') == Tree(m, t, n, top)
  {
    forall j: Index
      ensures Kid(m, t, n, j, top') == Kid(m, t, n, j, top) && Below(m, t, n, j, top') == Below(m, t, n, j, top)
      ensures Kid(m, t, n, j, top) ==> Tree(m, Sub(m, t, j), n - 1, top') == Tree(m, Sub(m, t, j), n - 1, top)
    {
      if Kid(m, t, n, j, top) { TopIrrelevant(m, Sub(m, t, j), n - 1, top, top'); }
    }
    forall f: Frame ensures f in Reach(m, t, n, top') <==> f in Reach(m, t, n, top) {
      ReachBelow(m, t, n, top, f);
      ReachBelow(m, t, n, top', f);
    }
  }

  /** The slots that are not replaced keep what hangs below them. */
  lemma GraftOther(m: Memory, m': Memory, t: Frame, n: Level, i: Index, top: set<Index>, top': set<Index>, j: Index)
    requires Tree(m, t, n, top) && j != i && m'[t][j] == m[t][j] && Live(n, j, top) == Live(n, j, top')
    requires forall f | f in Reach(m, t, n, top) && f != t && f !in Below(m, t, n, i, top) :: m'[f] == m[f]
    ensures Kid(m', t, n, j, top') == Kid(m, t, n, j, top) && Sub(m', t, j) == Sub(m, t, j)
    ensures Below(m', t, n, j, top') == Below(m, t, n, j, top)
    ensures Below(m, t, n, j, top) <= Reach(m, t, n, top)
    ensures Below(m, t, n, j, top) !! Below(m, t, n, i, top)
    ensures Kid(m, t, n, j, top) ==> Tree(m', Sub(m, t, j), n - 1, top') && t !in Below(m, t, n, j, top)
  {
    if Kid(m, t, n, j, top) {
      SubReach(m, t, n, j, top);
      AgreeReach(m, m', Sub(m, t, j), n - 1, top);
      TopIrrelevant(m', Sub(m, t, j), n - 1, top, top');
    }
  }

  /** Replacing what hangs below one slot of a tree, which may become live only now, gives a tree again. */
  lemma Graft(m: Memory, m': Memory, t: Frame, n: Level, i: Index, top: set<Index>, top': set<Index>)
    requires Tree(m, t, n, top)
    requires forall j: Index | j != i :: m'[t][j] == m[t][j] && Live(n, j, top) == Live(n, j, top')
    requires forall f | f in Reach(m, t, n, top) && f != t && f !in Below(m, t, n, i, top) :: m'[f] == m[f]
    requires Kid(m', t, n, i, top') && IsLink(m'[t][i]) && Tree(m', Sub(m', t, i), n - 1, top')
    requires forall f | f in Below(m', t, n, i, top') :: f !in Reach(m, t, n, top) || f in Below(m, t, n, i, top)
    ensures Tree(m', t, n, top')
    ensures Reach(m', t, n, top') == Reach(m, t, n, top) - Below(m, t, n, i, top) + Below(m', t, n, i, top')
  {
    forall j: Index | j != i
      ensures Kid(m', t, n, j, top') == Kid(m, t, n, j, top) && Sub(m', t, j) == Sub(m, t, j)
      ensures Below(m', t, n, j, top') == Below(m, t, n, j, top)
      ensures Below(m, t, n, j, top) <= Reach(m, t, n, top)
      ensures Below(m, t, n, j, top) !! Below(m, t, n, i, top)
      ensures Kid(m, t, n, j, top) ==> Tree(m', Sub(m, t, j), n - 1, top') && t !in Below(m, t, n, j, top)
    {
      GraftOther(m, m', t, n, i, top, top', j);
    }
    forall f: Frame
      ensures f in Reach(m', t, n, top') <==>
        f in Reach(m, t, n, top) - Below(m, t, n, i, top) + Below(m', t, n, i, top')
    {
      ReachBelow(m, t, n, top, f);
      ReachBelow(m', t, n, top', f);
    }
  }

  /** How many tables are missing on the way down p. */
  function Missing(m: Memory, t: Frame, p: Path): (k: nat)
    requires p.Step?
    ensures k < p.Len()
    decreases p
  {
    if p.rest.End? then 0
    else if m[t][p.idx] == ZERO then p.rest.Len()
    else Missing(m, m[t][p.idx].frame, p.rest)
  }

  /** State after creating the table for slot i of t. */
  function Created(v: Vm, t: Frame, i: Index): Vm
    requires |v.free| > 0
  {
    Vm(Store(Clear(v.mem, v.free[0]), t, i, Link(v.free[0])), v.free[1..])
  }

  /** The direct walk: create and clear each missing table, then write the leaf. */
  function Mapped(v: Vm, t: Frame, p: Path, leaf: Word): Vm
    requires p.Step? && Missing(v.mem, t, p) <= |v.free|
    decreases p
  {
    if p.rest.End? then Vm(Store(v.mem, t, p.idx, leaf), v.free)
    else if v.mem[t][p.idx] == ZERO then
      Mapped(Created(v, t, p.idx), v.free[0], p.rest, leaf)
    else Mapped(v, v.mem[t][p.idx].frame, p.rest, leaf)
  }

  /** The tables of a tree and the free frames do not overlap, and no frame is free twice. */
  ghost predicate Sound(v: Vm, t: Frame, n: Level, top: set<Index>) {
    Tree(v.mem, t, n, top) && Reach(v.mem, t, n, top) !! Frames(v.free) && Distinct(v.free)
  }

  /** w is v after a mapping along p that took the first k free frames as tables. */
  ghost predicate Grown(v: Vm, w: Vm, t: Frame, p: Path, leaf: Word, n: Level, top: set<Index>, k: nat) {
    && k <= |v.free| && w.free == v.free[k..]
    && Entry(w.mem, t, p) == leaf
    && Sound(w, t, n, top)
    && Reach(w.mem, t, n, top) == Reach(v.mem, t, n, top) + Frames(v.free[..k])
    && forall f | f !in Reach(v.mem, t, n, top) && f !in v.free[..k] :: w.mem[f] == v.mem[f]
  }

  lemma CreatedSound(v: Vm, t: Frame, n: Level, i: Index, top: set<Index>)
    requires n > 1 && Sound(v, t, n, top) && |v.free| > 0
    ensures var v1, f := Created(v, t, i), v.free[0];
      && Sound(v1, f, n - 1, top) && Reach(v1.mem, f, n - 1, top) == iset{f}
      && f != t && v1.mem[f] == ZeroPage() && f !in Reach(v.mem, t, n, top)
      && v1.mem[t] == v.mem[t][i := Link(f)]
      && forall g | g != f && g != t :: v1.mem[g] == v.mem[g]
  {
    assert t in Reach(v.mem, t, n, top) && v.free[0] in Frames(v.free);
  }

  lemma SoundSub(v: Vm, t: Frame, n: Level, i: Index, top: set<Index>)
    requires Sound(v, t, n, top) && Kid(v.mem, t, n, i, top)
    ensures Sound(v, Sub(v.mem, t, i), n - 1, top)
  {
    SubReach(v.mem, t, n, i, top);
  }

  lemma SplitFrames(s: seq<Frame>, k: nat)
    requires Distinct(s) && k <= |s|
    ensures Distinct(s[k..]) && Frames(s[..k]) !! Frames(s[k..])
    ensures Frames(s) == Frames(s[..k]) + Frames(s[k..])
  {
    assert s == s[..k] + s[k..];
  }

  lemma TakeFirst(s: seq<Frame>, k: nat)
    requires k < |s|
    ensures s[..k + 1] == [s[0]] + s[1..][..k]
    ensures Frames(s[..k + 1]) == iset{s[0]} + Frames(s[1..][..k])
  {
  }

  /** The tree after a table was created in slot i of t and filled in below. */
  lemma GraftNew(v: Vm, m: Memory, t: Frame, n: Level, i: Index, top: set<Index>, below: iset<Frame>)
    requires n > 1 && Live(n, i, top) && Sound(v, t, n, top) && |v.free| > 0 && v.mem[t][i] == ZERO
    requires Tree(m, v.free[0], n - 1, top) && Reach(m, v.free[0], n - 1, top) == below <= Frames(v.free)
    requires m[t] == v.mem[t][i := Link(v.free[0])]
    requires forall f | f in Reach(v.mem, t, n, top) && f != t :: m[f] == v.mem[f]
    ensures Tree(m, t, n, top) && Reach(m, t, n, top) == Reach(v.mem, t, n, top) + below
  {
    assert Kid(m, t, n, i, top) && Sub(m, t, i) == v.free[0];
    assert Below(v.mem, t, n, i, top) == iset{};
    assert Below(m, t, n, i, top) == below;
    Graft(v.mem, m, t, n, i, top, top);
  }

  lemma GrownNewTree(v: Vm, w: Vm, t: Frame, p: Path, leaf: Word, n: Level, top: set<Index>, k: nat)
    requires Under(p, n, top) && n > 1 && Sound(v, t, n, top) && |v.free| > 0 && v.mem[t][p.idx] == ZERO
    requires Grown(Created(v, t, p.idx), w, v.free[0], p.rest, leaf, n - 1, top, k)
    ensures k + 1 <= |v.free| && v.free[..k + 1] == [v.free[0]] + v.free[1..][..k]
    ensures Tree(w.mem, t, n, top) && Reach(w.mem, t, n, top) == Reach(v.mem, t, n, top) + Frames(v.free[..k + 1])
    ensures w.mem[t] == v.mem[t][p.idx := Link(v.free[0])]
  {
    CreatedSound(v, t, n, p.idx, top);
    TakeFirst(v.free, k);
    SplitFrames(v.free, k + 1);
    assert t in Reach(v.mem, t, n, top) && t !in Frames(v.free);
    assert forall f | f in v.free[1..][..k] :: f in Frames(v.free);
    GraftNew(v, w.mem, t, n, p.idx, top, Frames(v.free[..k + 1]));
  }

  lemma GrownNew(v: Vm, w: Vm, t: Frame, p: Path, leaf: Word, n: Level, top: set<Index>, k: nat)
    requires Under(p, n, top) && n > 1 && Sound(v, t, n, top) && |v.free| > 0 && v.mem[t][p.idx] == ZERO
    requires Grown(Created(v, t, p.idx), w, v.free[0], p.rest, leaf, n - 1, top, k)
    ensures Grown(v, w, t, p, leaf, n, top, k + 1)
  {
    GrownNewTree(v, w, t, p, leaf, n, top, k);
    SplitFrames(v.free, k + 1);
    CreatedSound(v, t, n, p.idx, top);
  }

  lemma GrownOld(v: Vm, w: Vm, t: Frame, p: Path, leaf: Word, n: Level, top: set<Index>, k: nat)
    requires Under(p, n, top) && n > 1 && Sound(v, t, n, top) && v.mem[t][p.idx] != ZERO
    requires Grown(v, w, Sub(v.mem, t, p.idx), p.rest, leaf, n - 1, top, k)
    ensures Grown(v, w, t, p, leaf, n, top, k)
  {
    SubReach(v.mem, t, n, p.idx, top);
    SplitFrames(v.free, k);
    assert t in Reach(v.mem, t, n, top) && t !in Frames(v.free);
    assert t !in v.free[..k] by { assert t !in Frames(v.free[..k]); }
    assert w.mem[t] == v.mem[t];
    assert Kid(w.mem, t, n, p.idx, top);
    assert Below(w.mem, t, n, p.idx, top) == Below(v.mem, t, n, p.idx, top) + Frames(v.free[..k]);
    Graft(v.mem, w.mem, t, n, p.idx, top, top);
  }

  lemma GrownLeaf(v: Vm, t: Frame, p: Path, leaf: Word, n: Level, top: set<Index>)
    requires Under(p, n, top) && n == 1 && Sound(v, t, n, top)
    ensures Grown(v, Vm(Store(v.mem, t, p.idx, leaf), v.free), t, p, leaf, n, top, 0)
  {
    assert t in Reach(v.mem, t, n, top);
  }

  lemma {:induction false} MappedGrows(v: Vm, t: Frame, p: Path, leaf: Word, n: Level, top: set<Index>)
    requires Under(p, n, top) && Sound(v, t, n, top) && Missing(v.mem, t, p) <= |v.free|
    ensures Grown(v, Mapped(v, t, p, leaf), t, p, leaf, n, top, Missing(v.mem, t, p))
    decreases p
  {
    var w := Mapped(v, t, p, leaf);
    if p.rest.End? {
      GrownLeaf(v, t, p, leaf, n, top);
    } else if v.mem[t][p.idx] == ZERO {
      CreatedSound(v, t, n, p.idx, top);
      MappedGrows(Created(v, t, p.idx), v.free[0], p.rest, leaf, n - 1, top);
      GrownNew(v, w, t, p, leaf, n, top, Missing(v.mem, t, p) - 1);
    } else {
      SubReach(v.mem, t, n, p.idx, top);
      MappedGrows(v, Sub(v.mem, t, p.idx), p.rest, leaf, n - 1, top);
      GrownOld(v, w, t, p, leaf, n, top, Missing(v.mem, t, p));
    }
  }
}
