/**
 * The physical page allocator: two queues threaded by index through one array of page
 * descriptors, with descriptor 0 as the end marker of both.
 */
module PageAllocator {
  import opened Sequences

  datatype MemPage = MemPage(base: nat, next: nat)

  /** Following `next` from head visits exactly the descriptors of chain, in order, and ends at 0. */
  ghost predicate Linked(pages: seq<MemPage>, head: nat, chain: seq<nat>) {
    && (forall i | 0 <= i < |chain| :: 0 < chain[i] < |pages|)
    && head == (if chain == [] then 0 else chain[0])
    && (forall i | 0 <= i < |chain| - 1 :: pages[chain[i]].next == chain[i + 1])
    && (chain != [] ==> pages[chain[|chain| - 1]].next == 0)
  }

  /** A queue: a linked chain whose tail index is right. */
  ghost predicate Chained(pages: seq<MemPage>, head: nat, tail: nat, chain: seq<nat>) {
    Linked(pages, head, chain) && tail == if chain == [] then 0 else chain[|chain| - 1]
  }

  /** The contents differ in `next` fields at most. */
  ghost predicate SameBases(pages: seq<MemPage>, pages': seq<MemPage>) {
    |pages'| == |pages| && forall i | 0 <= i < |pages| :: pages'[i].base == pages[i].base
  }

  /** Descriptors outside the chain do not matter. */
  lemma LinkedFrame(pages: seq<MemPage>, pages': seq<MemPage>, head: nat, chain: seq<nat>)
    requires Linked(pages, head, chain) && |pages'| == |pages|
    requires forall i | 0 <= i < |chain| :: pages'[chain[i]] == pages[chain[i]]
    ensures Linked(pages', head, chain)
  {
  }

  lemma LinkedTail(pages: seq<MemPage>, head: nat, chain: seq<nat>)
    requires Linked(pages, head, chain) && chain != []
    ensures Linked(pages, pages[chain[0]].next, chain[1..])
    ensures pages[chain[0]].next == 0 <==> |chain| == 1
  {
    if |chain| > 1 {
      assert chain[1..][0] == chain[1];
      assert chain[1..][|chain| - 2] == chain[|chain| - 1];
      forall i | 0 <= i < |chain| - 2 ensures pages[chain[1..][i]].next == chain[1..][i + 1] {
        assert chain[1..][i] == chain[i + 1] && chain[1..][i + 1] == chain[i + 2];
      }
    }
  }

  /** What `queue_page` writes. */
  function Appended(pages: seq<MemPage>, head: nat, tail: nat, index: nat): seq<MemPage>
    requires tail < |pages| && index < |pages|
  {
    var linked := if head == 0 && tail == 0 then pages else pages[tail := MemPage(pages[tail].base, index)];
    linked[index := MemPage(linked[index].base, 0)]
  }

  lemma AppendedChain(pages: seq<MemPage>, head: nat, tail: nat, index: nat, chain: seq<nat>)
    requires Chained(pages, head, tail, chain) && 0 < index < |pages| && index !in chain && Distinct(chain)
    requires |pages| > 0
    ensures tail < |pages|
    ensures var pages' := Appended(pages, head, tail, index);
      && Chained(pages', if head == 0 && tail == 0 then index else head, index, chain + [index])
      && SameBases(pages, pages')
      && forall i | 0 <= i < |pages| && i != index && (chain == [] || i != tail) :: pages'[i] == pages[i]
  {
    var pages', chain' := Appended(pages, head, tail, index), chain + [index];
    if chain != [] {
      forall i | 0 <= i < |chain'| - 1 ensures pages'[chain'[i]].next == chain'[i + 1] {
        if i < |chain| - 1 {
          assert chain[i] != chain[|chain| - 1] && chain[i] in chain;
        }
      }
    }
  }

  /** A page survives the filter when it starts outside the range. */
  predicate Outside(page: MemPage, base: nat, top: nat) { page.base < base || page.base >= top }

  /** The descriptors of a chain that survive, in order. */
  function Survivors(pages: seq<MemPage>, chain: seq<nat>, base: nat, top: nat): seq<nat> {
    if chain == [] then []
    else
      var n := |chain| - 1;
      var kept := Survivors(pages, chain[..n], base, top);
      if chain[n] < |pages| && Outside(pages[chain[n]], base, top) then kept + [chain[n]] else kept
  }

  /** The array of descriptors and the ends of its two queues. */
  datatype Lists = Lists(pages: seq<MemPage>, freeHead: nat, freeTail: nat, usedHead: nat, usedTail: nat)

  /** Every index that can be followed stays inside the array. */
  ghost predicate InBounds(l: Lists) {
    && l.freeHead < |l.pages| && l.freeTail < |l.pages| && l.usedHead < |l.pages| && l.usedTail < |l.pages|
    && forall i | 0 <= i < |l.pages| :: l.pages[i].next < |l.pages|
  }

  /** Two disjoint chains without repetition; the tail of the free one may be stale. */
  ghost predicate Chains(l: Lists, free: seq<nat>, used: seq<nat>) {
    && InBounds(l) && l.pages[0] == MemPage(0, 0)
    && Linked(l.pages, l.freeHead, free) && Chained(l.pages, l.usedHead, l.usedTail, used)
    && Distinct(used + free)
  }

  ghost predicate Partition(l: Lists, free: seq<nat>, used: seq<nat>) {
    Chains(l, free, used) && Chained(l.pages, l.freeHead, l.freeTail, free)
  }

  /** The effect of `get_free_page`, which hands out descriptor `l.freeHead`. */
  ghost function Taken(l: Lists): (l': Lists)
    requires InBounds(l)
    ensures InBounds(l') && |l'.pages| == |l.pages|
  {
    var next := l.pages[l.freeHead].next;
    Lists(Appended(l.pages, l.usedHead, l.usedTail, l.freeHead),
          next, if next == 0 then 0 else l.freeTail,
          if l.usedHead == 0 && l.usedTail == 0 then l.freeHead else l.usedHead, l.freeHead)
  }

  lemma TakenChains(l: Lists, free: seq<nat>, used: seq<nat>)
    requires Chains(l, free, used) && free != []
    ensures l.freeHead == free[0] && Chains(Taken(l), free[1..], used + [free[0]])
    ensures SameBases(l.pages, Taken(l).pages)
    ensures Partition(l, free, used) ==> Partition(Taken(l), free[1..], used + [free[0]])
  {
    var l', all := Taken(l), used + free;
    assert used + [free[0]] + free[1..] == all;
    assert Distinct(used) && free[0] !in used by {
      assert forall i | 0 <= i < |used| :: all[i] == used[i];
      assert all[|used|] == free[0];
    }
    AppendedChain(l.pages, l.usedHead, l.usedTail, free[0], used);
    LinkedTail(l.pages, l.freeHead, free);
    forall i | 0 <= i < |free[1..]| ensures l'.pages[free[1..][i]] == l.pages[free[1..][i]] {
      assert free[1..][i] == all[|used| + 1 + i] && free[0] == all[|used|];
      if used != [] {
        assert l.usedTail == all[|used| - 1];
      }
    }
    LinkedFrame(l.pages, l'.pages, l'.freeHead, free[1..]);
  }

  /** The descriptors handed out by n calls in a row, and what they leave. */
  ghost function Takes(l: Lists, n: nat): (r: (seq<nat>, Lists))
    requires InBounds(l)
    ensures InBounds(r.1)
    decreases n
  {
    if n == 0 then ([], l)
    else
      var rest := Takes(Taken(l), n - 1);
      ([l.freeHead] + rest.0, rest.1)
  }

  lemma TakesStep(l: Lists, n: nat)
    requires InBounds(l)
    ensures n == 0 ==> Takes(l, n) == ([], l)
    ensures n > 0 ==> Takes(l, n) == ([l.freeHead] + Takes(Taken(l), n - 1).0, Takes(Taken(l), n - 1).1)
  {
  }

  lemma ChainsFront(l: Lists, free: seq<nat>, used: seq<nat>, n: nat)
    requires Chains(l, free, used) && n <= |free|
    ensures InBounds(l) && Distinct(free[..n]) && 0 !in free[..n]
  {
    assert forall i | 0 <= i < n :: free[..n][i] == free[i] == (used + free)[|used| + i];
  }

  lemma SameBasesChain(a: seq<MemPage>, b: seq<MemPage>, c: seq<MemPage>)
    requires SameBases(a, b) && SameBases(b, c)
    ensures SameBases(a, c)
  {
  }

  lemma Split(free: seq<nat>, used: seq<nat>, n: nat)
    requires n <= |free|
    ensures n == 0 ==> free[..n] == [] && free[n..] == free && used + free[..n] == used
    ensures n > 0 ==> n - 1 <= |free[1..]| && free[..n] == [free[0]] + free[1..][..n - 1]
    ensures n > 0 ==> free[1..][n - 1..] == free[n..] && used + [free[0]] + free[1..][..n - 1] == used + free[..n]
  {
  }

  /**
   * Over every run of calls the two queues partition the original order: the pages handed out are
   * the front of the free queue, none of them twice and never the end marker.
   */
  lemma {:induction false} TakesPartition(l: Lists, free: seq<nat>, used: seq<nat>, n: nat)
    requires Chains(l, free, used) && n <= |free|
    ensures InBounds(l) && Takes(l, n).0 == free[..n] && Distinct(free[..n]) && 0 !in free[..n]
    ensures Chains(Takes(l, n).1, free[n..], used + free[..n])
    ensures Partition(l, free, used) ==> Partition(Takes(l, n).1, free[n..], used + free[..n])
    ensures SameBases(l.pages, Takes(l, n).1.pages)
    decreases n
  {
    hide *;
    ChainsFront(l, free, used, n);
    TakesStep(l, n);
    Split(free, used, n);
    if n == 0 {
      SameBasesSelf(l.pages);
    } else {
      TakenChains(l, free, used);
      ChainsFront(Taken(l), free[1..], used + [free[0]], 0);
      TakesPartition(Taken(l), free[1..], used + [free[0]], n - 1);
      SameBasesChain(l.pages, Taken(l).pages, Takes(l, n).1.pages);
    }
  }

  lemma SameBasesSelf(a: seq<MemPage>)
    ensures SameBases(a, a)
  {
  }

  /**
   * On an empty free queue the call still succeeds: it hands out the end marker, whose page is
   * frame 0, and it breaks the used queue unless that is empty too.
   */
  lemma TakenEmpty(l: Lists, used: seq<nat>)
    requires Partition(l, [], used)
    ensures l.freeHead == 0
    ensures Partition(Taken(l), [], used) <==> used == []
  {
    if used != [] {
      assert Taken(l).usedTail == 0 != used[|used| - 1];
    }
  }

  /** Removing the descriptor after x. */
  function Unlinked(pages: seq<MemPage>, x: nat, y: nat): seq<MemPage>
    requires x < |pages| && y < |pages|
  {
    var linked := pages[x := MemPage(pages[x].base, pages[y].next)];
    linked[y := MemPage(linked[y].base, 0)]
  }

  lemma UnlinkedChain(pages: seq<MemPage>, head: nat, a: seq<nat>, x: nat, y: nat, b: seq<nat>)
    requires Linked(pages, head, a + [x, y] + b) && Distinct(a + [x, y] + b) && x < |pages| && y < |pages|
    ensures Linked(Unlinked(pages, x, y), head, a + [x] + b) && SameBases(pages, Unlinked(pages, x, y))
    ensures pages[y].next == if b == [] then 0 else b[0]
    ensures forall i | 0 <= i < |pages| && i != x && i != y :: Unlinked(pages, x, y)[i] == pages[i]
  {
    var was, now, pages' := a + [x, y] + b, a + [x] + b, Unlinked(pages, x, y);
    assert was[|a|] == x && was[|a| + 1] == y;
    assert b != [] ==> was[|a| + 2] == b[0];
    forall i | 0 <= i < |now| ensures 0 < now[i] < |pages| && now[i] != y && (i != |a| ==> now[i] != x) {
      assert now[i] == was[if i <= |a| then i else i + 1];
    }
    forall i | 0 <= i < |now| - 1 ensures pages'[now[i]].next == now[i + 1] {
      var j := if i <= |a| then i else i + 1;
      assert now[i] == was[j] && now[i + 1] == was[if i < |a| then i + 1 else i + 2];
      assert pages[was[j]].next == was[j + 1];
    }
    assert now[|now| - 1] == if b == [] then x else was[|was| - 1];
  }

  /** Exactly the pages outside the range survive, in their order. */
  lemma {:induction false} SurvivorsAre(pages: seq<MemPage>, chain: seq<nat>, base: nat, top: nat)
    requires forall i | 0 <= i < |chain| :: chain[i] < |pages|
    ensures var kept := Survivors(pages, chain, base, top);
      && |kept| <= |chain|
      && (forall x :: x in kept <==> x in chain && Outside(pages[x], base, top))
      && (Distinct(chain) ==> Distinct(kept))
  {
    if chain != [] {
      var n := |chain| - 1;
      SurvivorsAre(pages, chain[..n], base, top);
      hide Outside, Distinct;
      DistinctLast(chain[..n], chain[n]);
      assert chain == chain[..n] + [chain[n]];
      var kept := Survivors(pages, chain[..n], base, top);
      assert Distinct(chain) ==> chain[n] !in kept;
      DistinctLast(kept, chain[n]);
    }
  }

  lemma DistinctLast(s: seq<nat>, x: nat)
    ensures Distinct(s + [x]) <==> Distinct(s) && x !in s
  {
    if Distinct(s + [x]) {
      forall i | 0 <= i < |s| ensures s[i] != x { assert (s + [x])[i] == s[i] && (s + [x])[|s|] == x; }
      forall i, j | 0 <= i < j < |s| ensures s[i] != s[j] { assert (s + [x])[i] == s[i] && (s + [x])[j] == s[j]; }
    }
  }

  /** The filter has dealt with the first k pages of `free`; `was` is the array before it. */
  ghost predicate Filtering(l: Lists, was: seq<MemPage>, free: seq<nat>, used: seq<nat>, base: nat, top: nat, k: nat) {
    && k <= |free| && (forall i | 0 <= i < |free| :: 0 < free[i] < |was|)
    && Chains(l, Survivors(was, free[..k], base, top) + free[k..], used) && SameBases(was, l.pages)
  }

  lemma FilteringParts(l: Lists, was: seq<MemPage>, free: seq<nat>, used: seq<nat>, base: nat, top: nat, k: nat)
    requires k <= |free|
    ensures Filtering(l, was, free, used, base, top, k) <==>
      && (forall i | 0 <= i < |free| :: 0 < free[i] < |was|)
      && Chains(l, Survivors(was, free[..k], base, top) + free[k..], used) && SameBases(was, l.pages)
  {
  }

  lemma FilteringStarts(l: Lists, free: seq<nat>, used: seq<nat>, base: nat, top: nat)
    requires Chains(l, free, used)
    ensures Filtering(l, l.pages, free, used, base, top, 0) && Survivors(l.pages, free[..0], base, top) == []
  {
    hide *;
    ChainsInside(l, free, used);
    NoneFiltered(l.pages, free, base, top);
    SameBasesSelf(l.pages);
    FilteringParts(l, l.pages, free, used, base, top, 0);
  }

  lemma NoneFiltered(was: seq<MemPage>, free: seq<nat>, base: nat, top: nat)
    ensures Survivors(was, free[..0], base, top) == [] && Survivors(was, free[..0], base, top) + free[0..] == free
  {
  }

  lemma ChainsInside(l: Lists, free: seq<nat>, used: seq<nat>)
    requires Chains(l, free, used)
    ensures forall i | 0 <= i < |free| :: 0 < free[i] < |l.pages|
  {
  }

  lemma FilteringEnds(l: Lists, was: seq<MemPage>, free: seq<nat>, used: seq<nat>, base: nat, top: nat)
    requires Filtering(l, was, free, used, base, top, |free|)
    ensures SameBases(was, l.pages) && Chains(l, Survivors(was, free, base, top), used)
  {
    assert free[..|free|] == free && Survivors(was, free, base, top) + free[|free|..] == Survivors(was, free, base, top);
  }

  /** Where the queue leads past the kept pages, and what is known of the two pages there. */
  lemma FilteringReads(l: Lists, was: seq<MemPage>, free: seq<nat>, used: seq<nat>, base: nat, top: nat, k: nat)
    requires Filtering(l, was, free, used, base, top, k)
    ensures InBounds(l) && k <= |free| && l.freeHead < |l.pages| && l.pages[0].next < |l.pages|
    ensures var kept, next := Survivors(was, free[..k], base, top), if k < |free| then free[k] else 0;
      && (kept == [] ==> l.freeHead == next)
      && (kept != [] ==> 0 < kept[|kept| - 1] < |l.pages| && l.pages[kept[|kept| - 1]].next == next)
    ensures k < |free| ==> free[k] != 0 && (Outside(l.pages[free[k]], base, top) <==> Outside(was[free[k]], base, top))
    ensures l.pages[0] == MemPage(0, 0) && (Outside(l.pages[0], base, top) <==> base > 0 || top == 0)
  {
    var kept := Survivors(was, free[..k], base, top);
    var chain := kept + free[k..];
    if kept != [] {
      assert chain[|kept| - 1] == kept[|kept| - 1];
    }
    if k < |free| {
      assert chain[|kept|] == free[k];
    }
  }

  /** The next page survives: nothing needs to be written. */
  lemma FilterKeeps(l: Lists, was: seq<MemPage>, free: seq<nat>, used: seq<nat>, base: nat, top: nat, k: nat)
    requires Filtering(l, was, free, used, base, top, k) && k < |free| && Outside(was[free[k]], base, top)
    ensures Filtering(l, was, free, used, base, top, k + 1)
    ensures Survivors(was, free[..k + 1], base, top) == Survivors(was, free[..k], base, top) + [free[k]]
  {
    SurvivorsSkip(was, free, base, top, k);
    assert Survivors(was, free[..k], base, top) + [free[k]] + free[k + 1..]
        == Survivors(was, free[..k], base, top) + free[k..];
  }

  lemma DistinctSkip(used: seq<nat>, a: seq<nat>, x: nat, b: seq<nat>)
    requires Distinct(used + (a + [x] + b))
    ensures Distinct(used + (a + b)) && Distinct(a + [x] + b) && x !in used && x !in a
    ensures forall i | 0 <= i < |used| :: used[i] !in a
  {
    var all, less, n := used + (a + [x] + b), used + (a + b), |used| + |a|;
    assert forall i | 0 <= i < |less| :: less[i] == all[if i < n then i else i + 1];
    assert forall i | 0 <= i < |a + [x] + b| :: (a + [x] + b)[i] == all[|used| + i];
    assert all[n] == x && (forall i | 0 <= i < |used| :: used[i] == all[i]);
    assert forall i | 0 <= i < |a| :: a[i] == all[|used| + i];
  }

  /** The first page is in the range: moving the head past it drops it. */
  lemma FilterDropsHead(l: Lists, was: seq<MemPage>, free: seq<nat>, used: seq<nat>, base: nat, top: nat, k: nat)
    requires Filtering(l, was, free, used, base, top, k) && k < |free| && !Outside(was[free[k]], base, top)
    requires Survivors(was, free[..k], base, top) == []
    ensures l.freeHead == free[k] < |l.pages|
    ensures Filtering(l.(freeHead := l.pages[free[k]].next), was, free, used, base, top, k + 1)
    ensures Survivors(was, free[..k + 1], base, top) == []
  {
    hide *;
    FilteringParts(l, was, free, used, base, top, k);
    assert [] + free[k..] == free[k..];
    ChainsDropHead(l, free[k..], used);
    var l' := l.(freeHead := l.pages[free[k]].next);
    SurvivorsSkip(was, free, base, top, k);
    assert free[k..][1..] == free[k + 1..] == [] + free[k + 1..];
    FilteringParts(l', was, free, used, base, top, k + 1);
  }

  lemma SurvivorsSkip(was: seq<MemPage>, free: seq<nat>, base: nat, top: nat, k: nat)
    requires k < |free| && free[k] < |was|
    ensures Survivors(was, free[..k + 1], base, top)
         == Survivors(was, free[..k], base, top) + if Outside(was[free[k]], base, top) then [free[k]] else []
  {
    assert free[..k + 1][..k] == free[..k];
  }

  lemma SurvivorsAll(was: seq<MemPage>, free: seq<nat>, base: nat, top: nat)
    ensures Survivors(was, free[..|free|], base, top) == Survivors(was, free, base, top)
  {
    assert free[..|free|] == free;
  }

  lemma FilteringKept(l: Lists, was: seq<MemPage>, free: seq<nat>, used: seq<nat>, base: nat, top: nat, k: nat)
    requires Filtering(l, was, free, used, base, top, k)
    ensures SameBases(was, l.pages)
  {
  }

  lemma ChainsDropHead(l: Lists, chain: seq<nat>, used: seq<nat>)
    requires Chains(l, chain, used) && chain != []
    ensures l.freeHead == chain[0] < |l.pages|
    ensures Chains(l.(freeHead := l.pages[chain[0]].next), chain[1..], used)
  {
    LinkedTail(l.pages, l.freeHead, chain);
    assert used + ([] + [chain[0]] + chain[1..]) == used + chain;
    DistinctSkip(used, [], chain[0], chain[1..]);
    assert [] + chain[1..] == chain[1..];
  }

  /** The page after the last kept one is in the range: linking around it drops it. */
  lemma FilterUnlinks(l: Lists, was: seq<MemPage>, free: seq<nat>, used: seq<nat>, base: nat, top: nat, k: nat)
    requires Filtering(l, was, free, used, base, top, k) && k < |free| && !Outside(was[free[k]], base, top)
    requires Survivors(was, free[..k], base, top) != []
    ensures var kept := Survivors(was, free[..k], base, top);
      && Survivors(was, free[..k + 1], base, top) == kept
      && kept[|kept| - 1] < |l.pages| && free[k] < |l.pages| && kept[|kept| - 1] != free[k]
      && Filtering(l.(pages := Unlinked(l.pages, kept[|kept| - 1], free[k])), was, free, used, base, top, k + 1)
  {
    hide *;
    FilteringParts(l, was, free, used, base, top, k);
    SurvivorsSkip(was, free, base, top, k);
    var kept, y, rest := Survivors(was, free[..k], base, top), free[k], free[k + 1..];
    var a, x := kept[..|kept| - 1], kept[|kept| - 1];
    assert kept + free[k..] == a + [x, y] + rest && a + [x] + rest == kept + rest;
    ChainsUnlink(l, was, a, x, y, rest, used);
    FilteringParts(l.(pages := Unlinked(l.pages, x, y)), was, free, used, base, top, k + 1);
  }

  lemma ChainsUnlink(l: Lists, was: seq<MemPage>, a: seq<nat>, x: nat, y: nat, b: seq<nat>, used: seq<nat>)
    requires Chains(l, a + [x, y] + b, used) && SameBases(was, l.pages)
    ensures x < |l.pages| && y < |l.pages| && x != y
    ensures Chains(l.(pages := Unlinked(l.pages, x, y)), a + [x] + b, used)
    ensures SameBases(was, Unlinked(l.pages, x, y))
  {
    var kept, chain := a + [x], a + [x, y] + b;
    assert chain == kept + [y] + b;
    assert chain[|a|] == x && chain[|a| + 1] == y && kept[|a|] == x;
    DistinctSkip(used, kept, y, b);
    UnlinkedChain(l.pages, l.freeHead, a, x, y, b);
    LinkedFrame(l.pages, Unlinked(l.pages, x, y), l.usedHead, used);
    UnlinkedBounds(l, was, x, y);
  }

  lemma UnlinkedBounds(l: Lists, was: seq<MemPage>, x: nat, y: nat)
    requires InBounds(l) && 0 < x < |l.pages| && 0 < y < |l.pages| && SameBases(was, l.pages)
    ensures InBounds(l.(pages := Unlinked(l.pages, x, y))) && SameBases(was, Unlinked(l.pages, x, y))
    ensures Unlinked(l.pages, x, y)[0] == l.pages[0]
  {
  }

  /** With no tail update, the stale tail is right exactly if the last page was kept. */
  lemma TailAfterFilter(l: Lists, l': Lists, free: seq<nat>, used: seq<nat>, base: nat, top: nat)
    requires Partition(l, free, used) && l'.freeTail == l.freeTail
    requires free == [] || Survivors(l.pages, free, base, top) != []
    requires Chains(l', Survivors(l.pages, free, base, top), used)
    ensures Partition(l', Survivors(l.pages, free, base, top), used)
       <==> free == [] || Outside(l.pages[free[|free| - 1]], base, top)
  {
    var kept := Survivors(l.pages, free, base, top);
    SurvivorsAre(l.pages, free, base, top);
    if kept != [] {
      assert kept[|kept| - 1] in kept;
    }
  }

  lemma FilterEnds(l: Lists, l': Lists, free: seq<nat>, used: seq<nat>, base: nat, top: nat)
    requires Filtering(l', l.pages, free, used, base, top, |free|) && l'.freeTail == l.freeTail
    requires free == [] || Survivors(l.pages, free, base, top) != [] || Survivors(l.pages, free[..|free|], base, top) != []
    ensures SameBases(l.pages, l'.pages) && Chains(l', Survivors(l.pages, free, base, top), used)
    ensures Partition(l, free, used) ==>
      (Partition(l', Survivors(l.pages, free, base, top), used) <==>
         free == [] || Outside(l.pages[free[|free| - 1]], base, top))
  {
    SurvivorsAll(l.pages, free, base, top);
    FilteringEnds(l', l.pages, free, used, base, top);
    if Partition(l, free, used) {
      TailAfterFilter(l, l', free, used, base, top);
    }
  }

  /**
   * A range that starts at 0 and is not empty contains the end marker: once the inner loop has
   * come to it behind entry x, one more round of the loop leaves everything as it is.
   */
  lemma MarkerSpins(pages: seq<MemPage>, x: nat, base: nat, top: nat)
    requires 0 < x < |pages| && pages[x].next == 0 && pages[0] == MemPage(0, 0) && !Outside(pages[0], base, top)
    ensures base == 0 && top > 0 && Unlinked(pages, x, pages[x].next) == pages
  {
  }

  /** The filter does not return: the range contains the end marker or every page of a queue. */
  ghost predicate FilterHangs(pages: seq<MemPage>, free: seq<nat>, base: nat, top: nat) {
    (base == 0 && top > 0) || (free != [] && Survivors(pages, free, base, top) == [])
  }

  function FirstIndices(count: nat): (r: seq<nat>)
    ensures |r| == count && forall i | 0 <= i < count :: r[i] == i + 1
  {
    if count == 0 then [] else FirstIndices(count - 1) + [count]
  }

  /** Descriptors 1..count describe consecutive pages from base and are queued in that order. */
  ghost predicate Region(l: Lists, base: nat, count: nat) {
    && InBounds(l) && count < |l.pages| && l.pages[0] == MemPage(0, 0) && l.usedHead == 0 == l.usedTail
    && Chained(l.pages, l.freeHead, l.freeTail, FirstIndices(count))
    && forall i | 0 <= i < count :: l.pages[i + 1].base == base + i * 4096
  }

  /** One round of the loop of `make_pages`. */
  ghost function Described(l: Lists, base: nat, k: nat): Lists
    requires l.freeTail < |l.pages| && k < |l.pages|
  {
    var based := l.pages[k := MemPage(base, l.pages[k].next)];
    Lists(Appended(based, l.freeHead, l.freeTail, k),
          if l.freeHead == 0 && l.freeTail == 0 then k else l.freeHead, k, l.usedHead, l.usedTail)
  }

  lemma DescribedChain(l: Lists, base: nat, k: nat)
    requires 0 < k < |l.pages| && InBounds(l) && Chained(l.pages, l.freeHead, l.freeTail, FirstIndices(k - 1))
    ensures var l' := Described(l, base, k);
      && InBounds(l') && Chained(l'.pages, l'.freeHead, l'.freeTail, FirstIndices(k))
      && |l'.pages| == |l.pages| && l'.pages[k].base == base
      && (forall i | 0 <= i < |l.pages| && i != k :: l'.pages[i].base == l.pages[i].base)
      && (l.pages[0] == MemPage(0, 0) ==> l'.pages[0] == MemPage(0, 0))
  {
    var chain := FirstIndices(k - 1);
    var based := l.pages[k := MemPage(base, l.pages[k].next)];
    LinkedFrame(l.pages, based, l.freeHead, chain);
    AppendedChain(based, l.freeHead, l.freeTail, k, chain);
    assert l.freeTail == 0 ==> chain == [];
  }

  /** How many pages it takes to cover a length. */
  function PageCount(length: nat): nat { (length + 4096 - 1) / 4096 }

  lemma PageCountIs(length: nat, k: nat)
    requires length <= k * 4096 && (k > 0 ==> (k - 1) * 4096 < length)
    ensures k == PageCount(length)
  {
  }

  lemma PageCountBelow(length: nat, k: nat)
    requires k * 4096 < length
    ensures k < PageCount(length)
  {
  }

  lemma RegionStarts(l: Lists, base: nat)
    requires Partition(l, [], [])
    ensures Region(l, base, 0)
  {
  }

  lemma RegionPartition(l: Lists, base: nat, count: nat)
    requires Region(l, base, count)
    ensures Partition(l, FirstIndices(count), [])
  {
    RegionQueues(l, base, count);
    IndicesDiffer(count);
    hide Region, Chained, InBounds, FirstIndices, Distinct;
    ChainedIs(l.pages, l.freeHead, l.freeTail, FirstIndices(count));
  }

  lemma ChainedIs(pages: seq<MemPage>, head: nat, tail: nat, chain: seq<nat>)
    ensures Chained(pages, head, tail, chain) ==> Linked(pages, head, chain)
  {
  }

  lemma RegionQueues(l: Lists, base: nat, count: nat)
    requires Region(l, base, count)
    ensures InBounds(l) && |l.pages| > 0 && l.pages[0] == MemPage(0, 0)
    ensures Chained(l.pages, l.freeHead, l.freeTail, FirstIndices(count)) && Chained(l.pages, l.usedHead, l.usedTail, [])
  {
  }

  lemma IndicesDiffer(count: nat)
    ensures [] + FirstIndices(count) == FirstIndices(count) && Distinct([] + FirstIndices(count))
  {
  }

  lemma RegionStep(l: Lists, base: nat, k: nat)
    requires 0 < k < |l.pages| && Region(l, base, k - 1)
    ensures l.freeTail < |l.pages| && Region(Described(l, base + (k - 1) * 4096, k), base, k)
  {
    DescribedChain(l, base + (k - 1) * 4096, k);
  }

  class PageList {
    const pages: array<MemPage>
    var freeHead: nat
    var freeTail: nat
    var usedHead: nat
    var usedTail: nat

    ghost function Abs(): Lists
      reads this, pages
    {
      Lists(pages[..], freeHead, freeTail, usedHead, usedTail)
    }

    /** `init_pages` */
    constructor (storage: array<MemPage>)
      requires storage.Length > 0
      requires forall i | 0 <= i < storage.Length :: storage[i].next < storage.Length
      modifies storage
      ensures pages == storage && Partition(Abs(), [], [])
    {
      pages := storage;
      freeHead, freeTail, usedHead, usedTail := 0, 0, 0, 0;
      new;
      pages[0] := MemPage(0, 0);
    }

    /**
     * `dequeue_page`: the first entry goes out and the rest of the chain keeps its right ends.  The
     * test for an empty queue compares a pointer with 0 and never holds; the end marker goes out.
     */
    method Dequeue(head: nat, tail: nat) returns (index: nat, head': nat, tail': nat)
      requires head < pages.Length
      ensures index == head && head' == pages[head].next && tail' == if head' == 0 then 0 else tail
      ensures forall chain | chain != [] && Chained(pages[..], head, tail, chain) ::
        index == chain[0] && Chained(pages[..], head', tail', chain[1..])
      ensures Chained(pages[..], head, tail, []) && pages[0].next == 0 ==>
        index == 0 && Chained(pages[..], head', tail', [])
    {
      forall chain | chain != [] && Chained(pages[..], head, tail, chain)
        ensures head == chain[0] && Chained(pages[..], pages[head].next, if pages[head].next == 0 then 0 else tail, chain[1..])
      {
        LinkedTail(pages[..], head, chain);
      }
      index := head;
      head' := pages[head].next;
      tail' := if pages[head].next == 0 then 0 else tail;
    }

    /** `queue_page` */
    method Queue(head: nat, tail: nat, index: nat) returns (head': nat, tail': nat)
      requires tail < pages.Length && index < pages.Length
      modifies pages
      ensures pages[..] == Appended(old(pages[..]), head, tail, index)
      ensures head' == (if head == 0 && tail == 0 then index else head) && tail' == index
    {
      head' := head;
      if head == 0 && tail == 0 {
        head' := index;
      } else {
        pages[tail] := MemPage(pages[tail].base, index);
      }
      pages[index] := MemPage(pages[index].base, 0);
      tail' := index;
    }

    /** `get_free_page`, returning the index of the descriptor. */
    method GetFreePage() returns (index: nat)
      requires InBounds(Abs())
      modifies this, pages
      ensures index == old(freeHead) && Abs() == Taken(old(Abs()))
    {
      index, freeHead, freeTail := Dequeue(freeHead, freeTail);
      usedHead, usedTail := Queue(usedHead, usedTail, index);
    }

    /** One round of the loop of `make_pages`: describe a page and queue it. */
    method Describe(index: nat, listIndex: nat)
      requires freeTail < pages.Length && listIndex < pages.Length
      modifies this, pages
      ensures Abs() == Described(old(Abs()), index, listIndex)
    {
      pages[listIndex] := MemPage(index, pages[listIndex].next);
      freeHead, freeTail := Queue(freeHead, freeTail, listIndex);
    }

    /** `make_pages` for the first region given to it; a region at 0 is ignored. */
    method MakePages(base: nat, length: nat)
      requires Partition(Abs(), [], []) && PageCount(length) < pages.Length
      modifies this, pages
      ensures base == 0 ==> Abs() == old(Abs())
      ensures base > 0 ==> Region(Abs(), base, PageCount(length))
      ensures base > 0 ==> Partition(Abs(), FirstIndices(PageCount(length)), [])
    {
      hide Region, Partition, Chained, InBounds, Described, FirstIndices, PageCount;
      if base == 0 { return; }
      var index, listIndex := base, 1;
      RegionStarts(Abs(), base);
      while index < base + length
        invariant 1 <= listIndex && index == base + (listIndex - 1) * 4096
        invariant listIndex > 1 ==> (listIndex - 2) * 4096 < length
        invariant Region(Abs(), base, listIndex - 1)
        decreases base + length - index
      {
        PageCountBelow(length, listIndex - 1);
        RegionStep(Abs(), base, listIndex);
        Describe(index, listIndex);
        index, listIndex := index + 4096, listIndex + 1;
      }
      PageCountIs(length, listIndex - 1);
      RegionPartition(Abs(), base, listIndex - 1);
    }

    method UnlinkNext(curr: nat, next: nat)
      requires curr < pages.Length && next < pages.Length && curr != next
      modifies pages
      ensures pages[..] == Unlinked(old(pages[..]), curr, next)
    {
      pages[curr] := MemPage(pages[curr].base, pages[next].next);
      pages[next] := MemPage(pages[next].base, 0);
    }

    /**
     * The inner loop of the filter: unlink the pages of the range that follow curr.  It comes to the
     * end marker and stays there if that is in the range.
     */
    method UnlinkRange(curr: nat, base: nat, top: nat, ghost was: seq<MemPage>, ghost free: seq<nat>, ghost used: seq<nat>,
                       ghost from: nat)
      returns (hangs: bool, ghost k: nat)
      requires Filtering(Abs(), was, free, used, base, top, from)
      requires var kept := Survivors(was, free[..from], base, top); kept != [] && kept[|kept| - 1] == curr
      modifies pages
      ensures from <= k && Filtering(Abs(), was, free, used, base, top, k)
      ensures curr < pages.Length && pages[curr].next == (if k < |free| then free[k] else 0)
      ensures hangs ==> base == 0 && top > 0 && k == |free|
      ensures !hangs && k < |free| ==> Outside(was[free[k]], base, top)
      ensures !hangs && k >= |free| ==> base > 0 || top == 0
      ensures var kept := Survivors(was, free[..k], base, top); kept != [] && kept[|kept| - 1] == curr
    {
      hide Chains, Partition, Filtering, Survivors, Linked, Chained, Distinct, InBounds, Unlinked, SameBases, Outside;
      k := from;
      FilteringReads(Abs(), was, free, used, base, top, k);
      var next := pages[curr].next;
      while !Outside(pages[next], base, top)
        invariant from <= k
        invariant Filtering(Abs(), was, free, used, base, top, k)
        invariant k <= |free| && Survivors(was, free[..k], base, top) != []
        invariant var kept := Survivors(was, free[..k], base, top); kept[|kept| - 1] == curr
        invariant 0 < curr < pages.Length && next == pages[curr].next < pages.Length
        decreases |free| - k
      {
        FilteringReads(Abs(), was, free, used, base, top, k);
        if next == 0 {
          // from here on the source goes round with nothing changed
          MarkerSpins(pages[..], curr, base, top);
          return true, k;
        }
        FilterUnlinks(Abs(), was, free, used, base, top, k);
        UnlinkNext(curr, next);
        k := k + 1;
        FilteringReads(Abs(), was, free, used, base, top, k);
        next := pages[curr].next;
      }
      FilteringReads(Abs(), was, free, used, base, top, k);
      return false, k;
    }

    /**
     * `filter_out_pages`: the free queue keeps, in order, the pages starting outside [base, top).
     * The tail index is never written, so it is right afterwards exactly if the last page stays.
     * `hangs` stands for the endless loops of the source.
     */
    method FilterOut(base: nat, top: nat, ghost free: seq<nat>, ghost used: seq<nat>) returns (hangs: bool)
      requires Chains(Abs(), free, used)
      modifies this, pages
      ensures hangs <==> FilterHangs(old(pages[..]), free, base, top)
      ensures var kept := Survivors(old(pages[..]), free, base, top);
        free == [] || kept != [] ==>
          && Chains(Abs(), kept, used)
          && (old(Partition(Abs(), free, used)) ==>
               (Partition(Abs(), kept, used) <==> free == [] || Outside(old(pages[..])[free[|free| - 1]], base, top)))
      ensures SameBases(old(pages[..]), pages[..]) && freeTail == old(freeTail)
    {
      hide Chains, Partition, Filtering, Survivors, Linked, Chained, Distinct, InBounds, Unlinked, SameBases, Outside;
      ghost var l0, k := Abs(), 0;
      var curr := freeHead;
      ChainsInside(l0, free, used);
      FilteringStarts(l0, free, used, base, top);
      FilteringReads(l0, l0.pages, free, used, base, top, 0);
      while !Outside(pages[curr], base, top)
        invariant k <= |free| && (k == 0 || k < |free|)
        invariant Filtering(Abs(), l0.pages, free, used, base, top, k) && Survivors(l0.pages, free[..k], base, top) == []
        invariant curr == freeHead < pages.Length && freeTail == old(freeTail)
        decreases |free| - k
      {
        FilteringReads(Abs(), l0.pages, free, used, base, top, k);
        FilteringKept(Abs(), l0.pages, free, used, base, top, k);
        ghost var atMarker := k == |free|;
        if !atMarker {
          FilterDropsHead(Abs(), l0.pages, free, used, base, top, k);
        }
        freeHead := pages[curr].next;
        curr := freeHead;
        if !atMarker {
          k := k + 1;
          FilteringReads(Abs(), l0.pages, free, used, base, top, k);
          FilteringKept(Abs(), l0.pages, free, used, base, top, k);
        }
        if freeHead == 0 {
          // the source reports a panic and spins
          SurvivorsAll(l0.pages, free, base, top);
          if free == [] { FilterEnds(l0, Abs(), free, used, base, top); }
          return true;
        }
      }
      FilteringReads(Abs(), l0.pages, free, used, base, top, k);
      var index := freeHead;
      while index != 0
        invariant Filtering(Abs(), l0.pages, free, used, base, top, k) && freeTail == old(freeTail)
        invariant k <= |free| && index == if k < |free| then free[k] else 0
        invariant index != 0 ==> Outside(l0.pages[index], base, top)
        invariant index == 0 ==> (base > 0 || top == 0) && (free == [] || Survivors(l0.pages, free[..k], base, top) != [])
        decreases |free| - k
      {
        curr := index;
        FilterKeeps(Abs(), l0.pages, free, used, base, top, k);
        k := k + 1;
        FilteringReads(Abs(), l0.pages, free, used, base, top, k);
        hangs, k := UnlinkRange(curr, base, top, l0.pages, free, used, k);
        FilteringReads(Abs(), l0.pages, free, used, base, top, k);
        if hangs {
          FilterEnds(l0, Abs(), free, used, base, top);
          return true;
        }
        index := pages[curr].next;
      }
      FilteringReads(Abs(), l0.pages, free, used, base, top, k);
      SurvivorsAll(l0.pages, free, base, top);
      FilterEnds(l0, Abs(), free, used, base, top);
      return false;
    }
  }
}
