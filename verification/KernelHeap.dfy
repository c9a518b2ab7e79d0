/**
 * The kernel's virtual memory allocators: `kmalloc` hands out pieces of a current page, the other
 * two hand out whole pages, and all three take new pages in one order.  Pages are numbered in it.
 */
module KernelHeap {
  datatype Request = Bytes(count: nat) | PageForProcess | PageTable

  /** A region, as a stretch of one page. */
  datatype Block = Refused | Block(page: nat, offset: nat, length: nat) {
    ghost predicate Apart(other: Block) {
      Refused? || other.Refused? || page != other.page || offset + length <= other.offset || other.offset + other.length <= offset
    }

    ghost predicate InPage() { Block? ==> offset + length <= 4096 }
  }

  /** The page that `kmalloc` is cutting. */
  datatype Current = NoPage | Page(number: nat)

  /** How many pages have been taken, and how much of the current one is gone. */
  datatype Heap = Heap(pages: nat, current: Current, index: nat)

  predicate NeedsPage(h: Heap, count: nat) { h.current.NoPage? || h.index + count >= 4096 }

  function Serve(h: Heap, r: Request): (Heap, Block) {
    match r
    case Bytes(count) =>
      if count > 4096 then (h, Refused)
      else if NeedsPage(h, count) then (Heap(h.pages + 1, Page(h.pages), count), Block(h.pages, 0, count))
      else (h.(index := h.index + count), Block(h.current.number, h.index, count))
    case PageForProcess => (h.(pages := h.pages + 1), Block(h.pages, 0, 4096))
    case PageTable => (h.(pages := h.pages + 1), Block(h.pages, 0, 4096))
  }

  /** The current page is one of those taken. */
  ghost predicate Ready(h: Heap) { h.current.Page? ==> h.current.number < h.pages && h.index <= 4096 }

  /** A block in space that the heap has not handed out yet. */
  ghost predicate Ahead(h: Heap, b: Block) {
    b.Block? ==> h.pages <= b.page || (h.current == Page(b.page) && h.index <= b.offset)
  }

  /** How many pages a request takes. */
  function Cost(h: Heap, r: Request): (n: nat)
    ensures n <= 1
  {
    match r
    case Bytes(count) => if count <= 4096 && NeedsPage(h, count) then 1 else 0
    case PageForProcess => 1
    case PageTable => 1
  }

  lemma ServeStep(h: Heap, r: Request)
    requires Ready(h)
    ensures var (h', b) := Serve(h, r);
      && Ready(h') && h'.pages == h.pages + Cost(h, r)
      && Ahead(h, b) && b.InPage() && (b.Block? ==> b.page < h'.pages)
      && (b.Refused? <==> r.Bytes? && r.count > 4096)
      && (b.Block? ==> b.length == (if r.Bytes? then r.count else 4096))
      && (!r.Bytes? ==> b.offset == 0)
  {
  }

  /**
   * `kmalloc` packs: a second block comes right behind the first one in its page, and takes no page,
   * if and only if it leaves at least one byte of the page unused.
   */
  lemma PacksIff(h: Heap, a: nat, b: nat)
    requires Ready(h) && a <= 4096 && b <= 4096
    ensures var (h1, first) := Serve(h, Bytes(a));
      var (h2, second) := Serve(h1, Bytes(b));
      && first.Block? && second.Block?
      && (if first.offset + a + b < 4096
          then second.page == first.page && second.offset == first.offset + a && h2.pages == h1.pages
          else second == Block(h1.pages, 0, b) && h2.pages == h1.pages + 1)
  {
  }

  /** Over a run of requests no block but one at the start of its page reaches the end of it. */
  lemma {:induction false} LastByteFree(h: Heap, rs: seq<Request>, i: nat)
    requires Ready(h) && i < |rs| && Serves(h, rs).1[i].Block?
    ensures Serves(h, rs).1[i].offset == 0 || Serves(h, rs).1[i].offset + Serves(h, rs).1[i].length < 4096
    decreases |rs|
  {
    ServeStep(h, rs[0]);
    if i > 0 { LastByteFree(Serve(h, rs[0]).0, rs[1..], i - 1); }
  }

  /** What is ahead afterwards was ahead before, and does not meet the block just served. */
  lemma ServeApart(h: Heap, r: Request, later: Block)
    requires Ready(h) && Ahead(Serve(h, r).0, later)
    ensures Ahead(h, later) && Serve(h, r).1.Apart(later)
  {
  }

  function Serves(h: Heap, rs: seq<Request>): (r: (Heap, seq<Block>))
    ensures |r.1| == |rs|
    decreases |rs|
  {
    if rs == [] then (h, [])
    else
      var (h', b) := Serve(h, rs[0]);
      var (h'', bs) := Serves(h', rs[1..]);
      (h'', [b] + bs)
  }

  function Costs(h: Heap, rs: seq<Request>): (n: nat)
    ensures n <= |rs|
    decreases |rs|
  {
    if rs == [] then 0 else Cost(h, rs[0]) + Costs(Serve(h, rs[0]).0, rs[1..])
  }

  lemma {:induction false} ServesAhead(h: Heap, rs: seq<Request>, i: nat)
    requires Ready(h) && i < |rs|
    ensures Ahead(h, Serves(h, rs).1[i]) && Serves(h, rs).1[i].InPage()
    decreases |rs|
  {
    ServeStep(h, rs[0]);
    if i > 0 {
      ServesAhead(Serve(h, rs[0]).0, rs[1..], i - 1);
      ServeApart(h, rs[0], Serves(h, rs).1[i]);
    }
  }

  /**
   * Whatever the three allocators are asked for and in whatever order, the regions they return
   * are pairwise disjoint and each lies in one page.
   */
  lemma {:induction false} RegionsDisjoint(h: Heap, rs: seq<Request>, i: nat, j: nat)
    requires Ready(h) && i < j < |rs|
    ensures Serves(h, rs).1[i].Apart(Serves(h, rs).1[j])
    ensures Serves(h, rs).1[i].InPage() && Serves(h, rs).1[j].InPage()
    decreases |rs|
  {
    var h' := Serve(h, rs[0]).0;
    ServesAhead(h, rs, i);
    ServesAhead(h, rs, j);
    ServeStep(h, rs[0]);
    if i == 0 {
      ServesAhead(h', rs[1..], j - 1);
      ServeApart(h, rs[0], Serves(h, rs).1[j]);
    } else {
      RegionsDisjoint(h', rs[1..], i - 1, j - 1);
    }
  }

  /** The count of pages grows by exactly the pages taken. */
  lemma {:induction false} ServesGrow(h: Heap, rs: seq<Request>)
    requires Ready(h)
    ensures Serves(h, rs).0.pages == h.pages + Costs(h, rs) && Ready(Serves(h, rs).0)
    decreases |rs|
  {
    if rs != [] {
      ServeStep(h, rs[0]);
      ServesGrow(Serve(h, rs[0]).0, rs[1..]);
    }
  }
}
