/**
  The free list of the page allocator as a sequence of blocks: what freeing, coalescing and first-fit
  allocation mean, independently of how the blocks are linked in memory.
 */
module FreeList {

  /** A run of pages. */
  datatype Block = Block(start: nat, size: nat) {
    function End(): nat {
      start + size
    }
  }

  /** Page numbers are 20 bits wide and page zero is never used. */
  const PAGES: nat := 0x10_0000

  predicate InRange(b: Block) {
    1 <= b.start && 1 <= b.size && b.End() <= PAGES
  }

  /** In address order without overlap; neighbours may touch. */
  ghost predicate Ordered(c: seq<Block>) {
    && (forall i :: 0 <= i < |c| ==> InRange(c[i]))
    && (forall i, j :: 0 <= i < j < |c| ==> c[i].End() <= c[j].start)
  }

  /** In address order, and no two blocks touch. */
  ghost predicate Separated(c: seq<Block>) {
    && (forall i :: 0 <= i < |c| ==> InRange(c[i]))
    && (forall i, j :: 0 <= i < j < |c| ==> c[i].End() < c[j].start)
  }

  predicate Within(b: Block, page: nat) {
    b.start <= page < b.End()
  }

  ghost predicate Covers(c: seq<Block>, page: nat) {
    exists i :: 0 <= i < |c| && Within(c[i], page)
  }

  ghost predicate DisjointFrom(c: seq<Block>, b: Block) {
    forall page: nat :: Within(b, page) ==> !Covers(c, page)
  }

  // ---------------------------------------------------------------- a separated chain is canonical

  /** A separated chain is determined by the pages it covers. */
  lemma {:induction false} SeparatedIsCanonical(a: seq<Block>, b: seq<Block>)
    requires Separated(a) && Separated(b)
    requires forall page: nat :: Covers(a, page) <==> Covers(b, page)
    ensures a == b
  {
    if a == [] || b == [] {
      if a != [] {
        assert Within(a[0], a[0].start) && Covers(a, a[0].start);
      }
      if b != [] {
        assert Within(b[0], b[0].start) && Covers(b, b[0].start);
      }
    } else {
      FirstBlockAgrees(a, b);
      FirstBlockAgrees(b, a);
      TailCovers(a);
      TailCovers(b);
      SeparatedIsCanonical(a[1..], b[1..]);
    }
  }

  /** The tail covers exactly the pages beyond the first block. */
  lemma TailCovers(c: seq<Block>)
    requires Separated(c) && c != []
    ensures Separated(c[1..])
    ensures forall page: nat :: Covers(c[1..], page) <==> Covers(c, page) && page >= c[0].End()
  {
    forall page: nat ensures Covers(c[1..], page) <==> Covers(c, page) && page >= c[0].End() {
      if Covers(c[1..], page) {
        var i :| 0 <= i < |c[1..]| && Within(c[1..][i], page);
        assert Within(c[i + 1], page);
      }
      if Covers(c, page) && page >= c[0].End() {
        var i :| 0 <= i < |c| && Within(c[i], page);
        assert Within(c[1..][i - 1], page);
      }
    }
  }

  /** The first block of `b` starts no earlier than that of `a`, and if they start together it ends no later. */
  lemma FirstBlockAgrees(a: seq<Block>, b: seq<Block>)
    requires Separated(a) && Separated(b) && a != [] && b != []
    requires forall page: nat :: Covers(a, page) <==> Covers(b, page)
    ensures a[0].start <= b[0].start
    ensures a[0].start == b[0].start ==> b[0].End() <= a[0].End()
  {
    assert Within(b[0], b[0].start) && Covers(b, b[0].start);
    var i :| 0 <= i < |a| && Within(a[i], b[0].start);
    EndNotCovered(a);
    assert !Within(b[0], a[0].End());
  }

  lemma EndNotCovered(c: seq<Block>)
    requires Separated(c) && c != []
    ensures !Covers(c, c[0].End())
  {
  }

  // ---------------------------------------------------------------- freeing

  /** The number of blocks that start at or below a page. */
  function Position(c: seq<Block>, page: nat): (k: nat)
    ensures k <= |c|
    ensures forall i :: 0 <= i < k ==> c[i].start <= page
    ensures k < |c| ==> c[k].start > page
  {
    if c == [] || c[0].start > page then 0 else 1 + Position(c[1..], page)
  }

  function Insert(c: seq<Block>, k: nat, b: Block): seq<Block>
    requires k <= |c|
  {
    c[..k] + [b] + c[k..]
  }

  predicate Touches(c: seq<Block>, i: int) {
    0 <= i < |c| - 1 && c[i].End() == c[i + 1].start
  }

  /** Merge block `i` with its right neighbour if they touch. */
  function MergeAt(c: seq<Block>, i: int): seq<Block> {
    if Touches(c, i) then c[..i] + [Block(c[i].start, c[i].size + c[i + 1].size)] + c[i + 2..] else c
  }

  /** Insert in address order, then merge to the right and to the left, in that order. */
  function FreeChain(c: seq<Block>, b: Block): seq<Block> {
    var k := Position(c, b.start);
    MergeAt(MergeAt(Insert(c, k, b), k), k - 1)
  }

  /** Blocks other than the one at `k` keep their distance. */
  ghost predicate ApartBut(c: seq<Block>, k: int) {
    forall i :: 0 <= i < |c| - 1 && i != k && i != k - 1 ==> c[i].End() < c[i + 1].start
  }

  /** A disjoint block lies between the blocks below it and the blocks above it. */
  lemma Between(c: seq<Block>, b: Block)
    requires Separated(c) && InRange(b) && DisjointFrom(c, b)
    ensures forall i :: 0 <= i < Position(c, b.start) ==> c[i].End() <= b.start
    ensures forall i :: Position(c, b.start) <= i < |c| ==> b.End() <= c[i].start
  {
    var k := Position(c, b.start);
    assert Within(b, b.start) && !Covers(c, b.start);
    forall i | 0 <= i < k ensures c[i].End() <= b.start {
      assert !Within(c[i], b.start);
    }
    forall i | k <= i < |c| ensures b.End() <= c[i].start {
      assert c[i].start >= c[k].start;
      assert Within(c[i], c[i].start) && Covers(c, c[i].start);
      assert !Within(b, c[i].start);
    }
  }

  /** The blocks of a chain with one block inserted. */
  lemma InsertIndex(c: seq<Block>, k: nat, b: Block, i: int)
    requires k <= |c| && 0 <= i <= |c|
    ensures var c1 := Insert(c, k, b);
      |c1| == |c| + 1 && c1[i] == if i < k then c[i] else if i > k then c[i - 1] else b
  {
  }

  lemma InsertOrdered(c: seq<Block>, b: Block)
    requires Separated(c) && InRange(b) && DisjointFrom(c, b)
    ensures var k := Position(c, b.start);
      var c1 := Insert(c, k, b);
      Ordered(c1) && ApartBut(c1, k)
  {
    Between(c, b);
    var k := Position(c, b.start);
    var c1 := Insert(c, k, b);
    InsertIndex(c, k, b, k);
    hide DisjointFrom;
    hide Position;
    hide Insert;
    forall i, j | 0 <= i < j < |c1|
      ensures InRange(c1[i]) && InRange(c1[j]) && c1[i].End() <= c1[j].start
      ensures i != k && j != k ==> c1[i].End() < c1[j].start
    {
      InsertIndex(c, k, b, i);
      InsertIndex(c, k, b, j);
    }
  }

  lemma InsertCovers(c: seq<Block>, k: nat, b: Block)
    requires k <= |c|
    ensures forall page: nat :: Covers(Insert(c, k, b), page) <==> Covers(c, page) || Within(b, page)
  {
    var c1 := Insert(c, k, b);
    forall page: nat ensures Covers(c1, page) <==> Covers(c, page) || Within(b, page) {
      if Covers(c, page) {
        var i :| 0 <= i < |c| && Within(c[i], page);
        assert Within(c1[if i < k then i else i + 1], page);
      }
      if Within(b, page) {
        assert Within(c1[k], page);
      }
      if Covers(c1, page) {
        var i :| 0 <= i < |c1| && Within(c1[i], page);
        assert i != k ==> Within(c[if i < k then i else i - 1], page);
      }
    }
  }

  /** The blocks of a chain after a merge. */
  lemma MergeIndex(c: seq<Block>, m: int, i: int)
    requires Touches(c, m) && 0 <= i < |c| - 1
    ensures var c1 := MergeAt(c, m);
      && |c1| == |c| - 1
      && c1[i] == if i < m then c[i] else if i > m then c[i + 1] else Block(c[m].start, c[m].size + c[m + 1].size)
  {
  }

  lemma MergeIdle(c: seq<Block>, m: int)
    requires !Touches(c, m)
    ensures MergeAt(c, m) == c
  {
  }

  lemma MergeOrdered(c: seq<Block>, m: int)
    requires Ordered(c)
    ensures Ordered(MergeAt(c, m))
  {
    hide MergeAt;
    if Touches(c, m) {
      var c1 := MergeAt(c, m);
      MergeIndex(c, m, m);
      forall i | 0 <= i < |c1| ensures InRange(c1[i]) {
        MergeIndex(c, m, i);
      }
      forall i, j | 0 <= i < j < |c1| ensures c1[i].End() <= c1[j].start {
        MergeIndex(c, m, i);
        MergeIndex(c, m, j);
        var x, y := if i < m then i else i + 1, if j <= m then j else j + 1;
        assert c[x].End() <= c[y].start;
      }
    } else {
      MergeIdle(c, m);
    }
  }

  /** A page is in the merged chain when it is in the original one. */
  lemma MergeCoversMore(c: seq<Block>, m: int, page: nat)
    requires Ordered(c) && Touches(c, m) && Covers(c, page)
    ensures Covers(MergeAt(c, m), page)
  {
    hide MergeAt;
    hide Ordered;
    var c1 := MergeAt(c, m);
    var i :| 0 <= i < |c| && Within(c[i], page);
    var j := if i <= m then i else i - 1;
    MergeIndex(c, m, j);
    assert Within(c1[j], page);
  }

  lemma MergeCoversNoMore(c: seq<Block>, m: int, page: nat)
    requires Touches(c, m) && Covers(MergeAt(c, m), page)
    ensures Covers(c, page)
  {
    hide MergeAt;
    var c1 := MergeAt(c, m);
    MergeIndex(c, m, m);
    var j :| 0 <= j < |c1| && Within(c1[j], page);
    MergeIndex(c, m, j);
    if j == m {
      assert Within(c[m], page) || Within(c[m + 1], page);
    } else {
      assert Within(c[if j < m then j else j + 1], page);
    }
  }

  lemma MergeCovers(c: seq<Block>, m: int)
    requires Ordered(c)
    ensures forall page: nat :: Covers(MergeAt(c, m), page) <==> Covers(c, page)
  {
    hide MergeAt;
    if Touches(c, m) {
      forall page: nat ensures Covers(MergeAt(c, m), page) <==> Covers(c, page) {
        if Covers(c, page) {
          MergeCoversMore(c, m, page);
        }
        if Covers(MergeAt(c, m), page) {
          MergeCoversNoMore(c, m, page);
        }
      }
    } else {
      MergeIdle(c, m);
    }
  }

  lemma NeighboursSuffice(c: seq<Block>)
    requires Ordered(c) && forall i :: 0 <= i < |c| - 1 ==> c[i].End() < c[i + 1].start
    ensures Separated(c)
  {
    forall i, j | 0 <= i < j < |c| ensures c[i].End() < c[j].start {
      assert c[i].End() < c[i + 1].start;
    }
  }

  /**
    Freeing a range disjoint from the chain yields a separated chain again, covering exactly the old
    free pages and the freed ones.
   */
  lemma FreeChainCorrect(c: seq<Block>, b: Block)
    requires Separated(c) && InRange(b) && DisjointFrom(c, b)
    ensures Separated(FreeChain(c, b))
    ensures forall page: nat :: Covers(FreeChain(c, b), page) <==> Covers(c, page) || Within(b, page)
  {
    var k: int := Position(c, b.start);
    InsertOrdered(c, b);
    InsertCovers(c, k, b);
    var c1 := Insert(c, k, b);
    MergeOrdered(c1, k);
    MergeCovers(c1, k);
    MergeRightApart(c1, k);
    var c2 := MergeAt(c1, k);
    MergeOrdered(c2, k - 1);
    MergeCovers(c2, k - 1);
    MergeLeftApart(c2, k - 1);
    NeighboursSuffice(MergeAt(c2, k - 1));
  }

  lemma MergeRightApart(c: seq<Block>, k: int)
    requires Ordered(c) && 0 <= k < |c| && ApartBut(c, k)
    ensures var c' := MergeAt(c, k);
      forall i :: 0 <= i < |c'| - 1 && i != k - 1 ==> c'[i].End() < c'[i + 1].start
  {
    var c' := MergeAt(c, k);
    if Touches(c, k) {
      forall i | 0 <= i < |c'| - 1 && i != k - 1 ensures c'[i].End() < c'[i + 1].start {
        if i >= k {
          assert c'[i + 1] == c[i + 2] && c'[i].End() == c[i + 1].End();
        } else {
          assert c'[i] == c[i] && c'[i + 1] == c[i + 1];
        }
      }
    }
  }

  lemma MergeLeftApart(c: seq<Block>, m: int)
    requires Ordered(c) && forall i :: 0 <= i < |c| - 1 && i != m ==> c[i].End() < c[i + 1].start
    ensures var c' := MergeAt(c, m);
      forall i :: 0 <= i < |c'| - 1 ==> c'[i].End() < c'[i + 1].start
  {
    var c' := MergeAt(c, m);
    if Touches(c, m) {
      forall i | 0 <= i < |c'| - 1 ensures c'[i].End() < c'[i + 1].start {
        if i >= m {
          assert c'[i + 1] == c[i + 2] && c'[i].End() == c[i + 1].End();
        } else {
          assert c'[i] == c[i] && c'[i + 1].start == c[i + 1].start;
        }
      }
    }
  }

  // ---------------------------------------------------------------- allocating

  /** First fit: the index of the first block that is large enough, or the length of the chain. */
  function FirstFit(c: seq<Block>, pages: nat): (i: nat)
    ensures i <= |c|
    ensures forall j :: 0 <= j < i ==> c[j].size < pages
    ensures i < |c| ==> c[i].size >= pages
  {
    if c == [] || c[0].size >= pages then 0 else 1 + FirstFit(c[1..], pages)
  }

  /** The allocations after which the code's chain is right: the head block fits, and is split or is alone. */
  predicate HeadFit(c: seq<Block>, pages: nat) {
    c != [] && c[0].size >= pages && (c[0].size > pages || |c| == 1)
  }

  /** The chain after such an allocation. */
  function AllocChain(c: seq<Block>, pages: nat): seq<Block>
    requires HeadFit(c, pages)
  {
    if c[0].size > pages then [Block(c[0].start + pages, c[0].size - pages)] + c[1..] else []
  }

  lemma AllocChainCorrect(c: seq<Block>, pages: nat)
    requires Separated(c) && HeadFit(c, pages)
    ensures Separated(AllocChain(c, pages))
    ensures forall page: nat ::
      Covers(AllocChain(c, pages), page) <==> Covers(c, page) && !Within(Block(c[0].start, pages), page)
  {
    var c' := AllocChain(c, pages);
    forall page: nat ensures Covers(c', page) <==> Covers(c, page) && !Within(Block(c[0].start, pages), page) {
      if Covers(c', page) {
        var i :| 0 <= i < |c'| && Within(c'[i], page);
        assert Within(c[i], page);
      }
      if Covers(c, page) && !Within(Block(c[0].start, pages), page) {
        var i :| 0 <= i < |c| && Within(c[i], page);
        assert Within(c'[i], page);
      }
    }
  }

  // ---------------------------------------------------------------- whole runs

  datatype Heap = Heap(chain: seq<Block>, live: set<Block>)

  datatype HeapOp = Allocate(pages: nat) | Release(block: Block)

  /** Allocate at the head, when that is where the first fit is and the chain survives; free a live range. */
  predicate Allowed(h: Heap, op: HeapOp) {
    match op
    case Allocate(pages) => pages > 0 && (FirstFit(h.chain, pages) == |h.chain| || HeadFit(h.chain, pages))
    case Release(b) => b in h.live
  }

  function StepHeap(h: Heap, op: HeapOp): Heap
    requires Allowed(h, op)
  {
    match op
    case Allocate(pages) =>
      if FirstFit(h.chain, pages) == |h.chain| then h
      else Heap(AllocChain(h.chain, pages), h.live + {Block(h.chain[0].start, pages)})
    case Release(b) => Heap(FreeChain(h.chain, b), h.live - {b})
  }

  ghost predicate AllowedRun(h: Heap, ops: seq<HeapOp>)
    decreases |ops|
  {
    ops == [] || (Allowed(h, ops[0]) && AllowedRun(StepHeap(h, ops[0]), ops[1..]))
  }

  ghost function RunHeap(h: Heap, ops: seq<HeapOp>): Heap
    requires AllowedRun(h, ops)
    decreases |ops|
  {
    if ops == [] then h else RunHeap(StepHeap(h, ops[0]), ops[1..])
  }

  /** The live ranges and the free chain partition the region. */
  ghost predicate Partition(h: Heap, region: Block) {
    && Separated(h.chain)
    && (forall b :: b in h.live ==> InRange(b))
    && (forall a, b, page: nat :: a in h.live && b in h.live && a != b && Within(a, page) ==> !Within(b, page))
    && (forall b, page: nat :: b in h.live && Within(b, page) ==> Within(region, page) && !Covers(h.chain, page))
    && (forall page: nat :: Covers(h.chain, page) ==> Within(region, page))
    && (forall page: nat :: Within(region, page) && !Covers(h.chain, page) ==> exists b :: b in h.live && Within(b, page))
  }

  lemma AllocateKeeps(h: Heap, pages: nat, region: Block)
    requires Partition(h, region) && pages > 0 && HeadFit(h.chain, pages)
    ensures Partition(Heap(AllocChain(h.chain, pages), h.live + {Block(h.chain[0].start, pages)}), region)
  {
    AllocChainCorrect(h.chain, pages);
    var b := Block(h.chain[0].start, pages);
    var h' := Heap(AllocChain(h.chain, pages), h.live + {b});
    forall page: nat | Within(b, page) ensures Covers(h.chain, page) {
      assert Within(h.chain[0], page);
    }
    forall page: nat | Within(region, page) && !Covers(h'.chain, page)
      ensures exists a :: a in h'.live && Within(a, page)
    {
      if Covers(h.chain, page) {
        assert b in h'.live && Within(b, page);
      } else {
        var a :| a in h.live && Within(a, page);
        assert a in h'.live;
      }
    }
  }

  lemma ReleaseKeeps(h: Heap, b: Block, region: Block)
    requires Partition(h, region) && b in h.live
    ensures Partition(Heap(FreeChain(h.chain, b), h.live - {b}), region)
  {
    FreeChainCorrect(h.chain, b);
    var h' := Heap(FreeChain(h.chain, b), h.live - {b});
    forall page: nat | Within(region, page) && !Covers(h'.chain, page)
      ensures exists a :: a in h'.live && Within(a, page)
    {
      var a :| a in h.live && Within(a, page);
      assert a in h'.live;
    }
  }

  /**
    Over every run of head-fitting allocations and frees of live ranges, the live ranges are pairwise
    disjoint, lie inside the region and partition it together with the free chain.
   */
  lemma {:induction false} RunKeepsPartition(h: Heap, ops: seq<HeapOp>, region: Block)
    requires Partition(h, region) && AllowedRun(h, ops)
    ensures Partition(RunHeap(h, ops), region)
    decreases |ops|
  {
    if ops != [] {
      StepKeepsPartition(h, ops[0], region);
      RunKeepsPartition(StepHeap(h, ops[0]), ops[1..], region);
    }
  }

  lemma StepKeepsPartition(h: Heap, op: HeapOp, region: Block)
    requires Partition(h, region) && Allowed(h, op)
    ensures Partition(StepHeap(h, op), region)
  {
    match op
    case Allocate(pages) =>
      if FirstFit(h.chain, pages) != |h.chain| {
        AllocateKeeps(h, pages, region);
      }
    case Release(b) => ReleaseKeeps(h, b, region);
  }

  lemma InitialPartition(region: Block)
    requires InRange(region)
    ensures Partition(Heap([region], {}), region)
  {
    forall page: nat ensures Covers([region], page) <==> Within(region, page) {
      assert Within(region, page) ==> Within([region][0], page);
    }
  }
}
